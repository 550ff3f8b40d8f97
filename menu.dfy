/** The fixed in-memory menu the combo generator draws from (the master menu of backend/app.js). */
module Menu {

  datatype Option<T> = None | Some(value: T)

  /** One dish or drink; catalog data, never changed. */
  datatype FoodItem = FoodItem(
    name: string,
    caloricValue: nat,
    operativeScore: nat,  // subjective desirability, 1..9 in the catalog
    spicyLevel: nat,      // 0..3 in the catalog
    description: string)

  /** The names of the items, in order (items.map(item => item.name)). */
  function Names(items: seq<FoodItem>): seq<string>
  {
    seq(|items|, i requires 0 <= i < |items| => items[i].name)
  }

  const MainCourses: seq<FoodItem> := [
      FoodItem("Chicken Tikka Masala", 600, 9, 3, "A classic Indian chicken dish, rich and creamy."),
      FoodItem("Paneer Butter Masala", 550, 8, 1, "Soft paneer cubes in a rich tomato-based gravy."),
      FoodItem("Dal Makhani", 480, 7, 1, "Slow-cooked black lentils in a buttery sauce."),
      FoodItem("Vegetable Biryani", 520, 8, 2, "Fragrant basmati rice cooked with mixed vegetables and spices."),
      FoodItem("Butter Chicken", 620, 9, 2, "Tender chicken in a mild, creamy tomato sauce."),
      FoodItem("Mushroom Do Pyaza", 490, 7, 1, "Mushrooms cooked with a generous amount of onions."),
      FoodItem("Lamb Rogan Josh", 650, 9, 3, "Aromatic lamb curry from Kashmir."),
      FoodItem("Chana Masala", 450, 6, 2, "Spicy chickpea curry."),
      FoodItem("Fish Curry", 580, 8, 3, "Tangy and spicy fish in a coconut-based gravy."),
      FoodItem("Aloo Gobi", 400, 6, 1, "Potatoes and cauliflower cooked with Indian spices."),
      FoodItem("Palak Paneer", 420, 7, 1, "Fresh spinach curry with soft paneer cubes."),
      FoodItem("Chicken Biryani", 680, 9, 3, "Aromatic rice dish with tender chicken and spices."),
      FoodItem("Malai Kofta", 540, 8, 1, "Vegetable dumplings in a rich cream sauce."),
      FoodItem("Rajma Chawal", 520, 7, 2, "Red kidney beans curry with rice."),
      FoodItem("Kadai Chicken", 590, 8, 3, "Spicy chicken cooked with bell peppers and onions."),
      FoodItem("Baingan Bharta", 380, 6, 2, "Smoky roasted eggplant curry."),
      FoodItem("Chicken Korma", 570, 8, 1, "Mild chicken curry in a rich nut-based gravy."),
      FoodItem("Mixed Vegetable Curry", 410, 6, 1, "Assorted vegetables in a light tomato gravy."),
      FoodItem("Prawn Curry", 520, 8, 2, "Fresh prawns in a coconut-based curry."),
      FoodItem("Soya Chaap", 460, 7, 2, "Soy protein in a rich gravy.")
    ]

  const SideDishes: seq<FoodItem> := [
      FoodItem("Garlic Naan", 250, 7, 0, "Leavened flatbread with garlic."),
      FoodItem("Basmati Rice", 180, 5, 0, "Fluffy long-grain rice."),
      FoodItem("Raita", 120, 6, 0, "Yogurt dip with cucumber and mint."),
      FoodItem("Papadum", 80, 4, 0, "Crispy lentil cracker."),
      FoodItem("Onion Bhaji", 200, 7, 1, "Crispy fried onion fritters."),
      FoodItem("Cucumber Salad", 90, 5, 0, "Fresh cucumber and tomato salad."),
      FoodItem("Samosa (2 pcs)", 300, 8, 2, "Fried pastry with savory filling."),
      FoodItem("Mixed Vegetable Pickle", 50, 4, 2, "Tangy and spicy pickled vegetables."),
      FoodItem("Plain Naan", 220, 6, 0, "Soft leavened flatbread."),
      FoodItem("Jeera Rice", 200, 6, 0, "Basmati rice flavored with cumin seeds."),
      FoodItem("Mint Chutney", 60, 5, 1, "Fresh mint and coriander chutney."),
      FoodItem("Tamarind Chutney", 80, 5, 0, "Sweet and tangy tamarind sauce."),
      FoodItem("Mixed Salad", 110, 6, 0, "Fresh mixed vegetable salad."),
      FoodItem("Aloo Paratha", 280, 7, 1, "Stuffed flatbread with potato filling."),
      FoodItem("Puri (3 pcs)", 240, 6, 0, "Deep-fried puffed bread."),
      FoodItem("Bread Roll", 190, 5, 0, "Crispy bread roll."),
      FoodItem("Veg Cutlet", 220, 6, 1, "Vegetable cutlet with breadcrumbs."),
      FoodItem("Poha", 160, 5, 0, "Flattened rice with mild spices."),
      FoodItem("Upma", 180, 5, 0, "Semolina breakfast dish."),
      FoodItem("Idli (4 pcs)", 140, 5, 0, "Steamed rice cakes.")
    ]

  const Drinks: seq<FoodItem> := [
      FoodItem("Mango Lassi", 280, 8, 0, "Sweet yogurt drink with mango."),
      FoodItem("Masala Chai", 150, 7, 0, "Spiced Indian tea."),
      FoodItem("Fresh Lime Soda", 100, 6, 0, "Refreshing lime and soda drink."),
      FoodItem("Jaljeera", 80, 5, 1, "Spiced cumin drink."),
      FoodItem("Coca-Cola", 180, 5, 0, "Classic carbonated soft drink."),
      FoodItem("Water Bottle", 0, 1, 0, "Pure drinking water."),
      FoodItem("Sweet Lassi", 250, 7, 0, "Traditional sweet yogurt drink."),
      FoodItem("Salted Lassi", 200, 6, 0, "Savory yogurt drink with salt."),
      FoodItem("Rose Lassi", 260, 7, 0, "Refreshing rose-flavored yogurt drink."),
      FoodItem("Pineapple Juice", 120, 6, 0, "Fresh pineapple juice."),
      FoodItem("Orange Juice", 110, 6, 0, "Fresh orange juice."),
      FoodItem("Ginger Tea", 90, 6, 1, "Spicy ginger tea."),
      FoodItem("Green Tea", 5, 4, 0, "Healthy green tea."),
      FoodItem("Coffee", 70, 5, 0, "Hot brewed coffee."),
      FoodItem("Lemonade", 95, 6, 0, "Fresh lemonade."),
      FoodItem("Coconut Water", 45, 5, 0, "Natural coconut water."),
      FoodItem("Buttermilk", 85, 5, 0, "Traditional buttermilk."),
      FoodItem("Thandai", 320, 8, 0, "Rich milk drink with nuts and spices."),
      FoodItem("Kesar Milk", 180, 6, 0, "Saffron-flavored milk."),
      FoodItem("Hot Chocolate", 220, 7, 0, "Rich hot chocolate.")
    ]

  /** The three categories of the catalog (masterMenu). */
  datatype Catalog = Catalog(mainCourses: seq<FoodItem>, sideDishes: seq<FoodItem>, drinks: seq<FoodItem>)

  const MasterMenu: Catalog := Catalog(MainCourses, SideDishes, Drinks)
}
